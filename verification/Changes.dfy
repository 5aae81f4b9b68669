/** A change of one reservation row, with everything that changes beside it. */
module Changes {
  import opened Model
  import opened Stock

  /** What a change means for the statistics of a volunteer. */
  datatype Score = Unscored | Delivers(volunteer: nat, seconds: int) | Misses(volunteer: nat)

  /** The row and payment after the change, whether the row's stock goes back, the jobs it enqueues. */
  datatype Change = Change(row: Reservation, payment: Option<Payment>, back: bool, jobs: set<Job>, score: Score)

  /** The floored running average of `completeTask`. */
  function NextAverage(completed: nat, average: int, sample: int): int {
    if completed > 0 then (average * completed + sample) / (completed + 1) else sample
  }

  function AfterCompletion(s: Stats, sample: int): Stats {
    s.(completed := s.completed + 1, average := NextAverage(s.completed, s.average, sample))
  }

  function AfterTimeout(s: Stats): Stats {
    s.(timeouts := s.timeouts + 1)
  }

  function Scored(stats: map<nat, Stats>, score: Score): map<nat, Stats> {
    match score
    case Unscored => stats
    case Delivers(v, seconds) => stats[v := AfterCompletion(StatsOf(stats, v), seconds)]
    case Misses(v) => stats[v := AfterTimeout(StatsOf(stats, v))]
  }

  function WithPayment(payments: map<nat, Payment>, i: nat, p: Option<Payment>): map<nat, Payment> {
    if p.Some? then payments[i := p.value] else payments
  }

  function Perform(db: Db, i: nat, c: Change): Db
    requires i < |db.rows|
  {
    var r := db.rows[i];
    db.(listings := if c.back then BackOnListing(db.listings, r, db.now) else db.listings,
        returned := if c.back then BackInHistory(db.returned, r, i) else db.returned,
        rows := db.rows[i := c.row],
        payments := WithPayment(db.payments, i, c.payment),
        jobs := db.jobs + c.jobs,
        stats := Scored(db.stats, c.score))
  }

  /** A change of the row and its payment alone. */
  function Quiet(r: Reservation, p: Option<Payment>): Change {
    Change(r, p, false, {}, Unscored)
  }
}
