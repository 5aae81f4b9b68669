/** All transactions as the steps of one machine, and its runs. A step that is refused leaves the state
    as it was, so every sequence of steps is a run. The lemmas named after a step say that taking it
    is what its transaction does; `Runs` and the promises of the steps start from them. */
module Machine {
  import opened Model
  import L = Listings
  import R = Reservations
  import D = Deliveries
  import P = Payments
  import F = Refunds

  datatype Step =
    | Tick(elapsed: nat)
    | PostListing(provider: nat, quantity: int, start: Option<int>, deadline: int, isFree: bool)
    | EditListing(provider: nat, listing: nat, edit: L.Edit)
    | ArchiveListing(provider: nat, listing: nat)
    | ExpireListing(listing: nat, expected: Option<int>, open: set<nat>)
    | RequestRescue(provider: nat, listing: nat, ngo: nat, verdict: L.Rescue)
    | RejectRequest(ngo: nat, request: nat)
    | AcceptRequest(ngo: nat, request: nat, approved: set<nat>, terms: R.NgoTerms)
    | HoldStock(user: nat, listing: nat, quantity: int, isApproved: bool, canReserve: bool)
    | OpenPaymentSession(row: nat, deposit: nat, commits: bool)
    | CompensateHold(row: nat)
    | BulkReserve(user: nat, items: seq<R.Item>, approved: set<nat>, terms: R.NgoTerms)
    | CancelReservation(user: nat, row: nat)
    | MarkPickedUp(provider: nat, row: nat, codeOk: bool)
    | StartTask(volunteer: nat, row: nat, raced: bool)
    | CompleteTask(volunteer: nat, row: nat, codeOk: bool)
    | PickupTimeout(row: nat, open: set<nat>)
    | DeliveryTimeout(row: nat, open: set<nat>)
    | PaidOrder(row: nat)
    | RecoverPayment(row: nat)
    | FailedOrder(row: nat, expired: bool)
    | RecoverStaleHold(row: nat)
    | PrepareRefund(row: nat, execute: bool)
    | PrepareDepositRefund(row: nat, execute: bool)
    | GatewayReplies(call: RefundCall, status: GatewayStatus)
    | PersistRefund(call: RefundCall, status: GatewayStatus)
    | PersistDepositRefund(call: RefundCall, status: GatewayStatus)
    | RefundEvent(call: RefundCall, status: GatewayStatus, allowRetry: bool)

  predicate IsListingStep(step: Step) {
    step.Tick? || step.PostListing? || step.EditListing? || step.ArchiveListing? || step.ExpireListing? ||
    step.RequestRescue? || step.RejectRequest?
  }

  function ExecuteListing(db: Db, step: Step): Result
    requires IsListingStep(step)
  {
    match step
    case Tick(elapsed) => L.Advance(db, elapsed)
    case PostListing(p, q, start, t, free) => L.PostListing(db, p, q, start, t, free)
    case EditListing(p, l, e) => L.EditListing(db, p, l, e)
    case ArchiveListing(p, l) => L.ArchiveListing(db, p, l)
    case ExpireListing(l, expected, open) => L.ExpireListing(db, l, expected, open)
    case RequestRescue(p, l, ngo, v) => L.RequestRescue(db, p, l, ngo, v)
    case RejectRequest(ngo, q) => L.RejectRequest(db, ngo, q)
  }

  predicate IsClaimStep(step: Step) {
    step.AcceptRequest? || step.HoldStock? || step.OpenPaymentSession? || step.CompensateHold? || step.BulkReserve? ||
    step.CancelReservation? || step.MarkPickedUp?
  }

  function ExecuteClaim(db: Db, step: Step): Result
    requires IsClaimStep(step)
  {
    match step
    case AcceptRequest(ngo, q, approved, terms) => R.AcceptRequest(db, ngo, q, approved, terms)
    case HoldStock(u, l, q, approved, can) => R.HoldStock(db, u, l, q, approved, can)
    case OpenPaymentSession(i, deposit, commits) => R.OpenPaymentSession(db, i, deposit, commits)
    case CompensateHold(i) => R.CompensateHold(db, i)
    case BulkReserve(u, items, approved, terms) => R.BulkReserve(db, u, items, approved, terms)
    case CancelReservation(u, i) => R.CancelReservation(db, u, i)
    case MarkPickedUp(p, i, code) => R.MarkPickedUp(db, p, i, code)
  }

  predicate IsDeliveryStep(step: Step) {
    step.StartTask? || step.CompleteTask? || step.PickupTimeout? || step.DeliveryTimeout?
  }

  function ExecuteDelivery(db: Db, step: Step): Result
    requires IsDeliveryStep(step)
  {
    match step
    case StartTask(v, i, raced) => D.StartTask(db, v, i, raced)
    case CompleteTask(v, i, code) => D.CompleteTask(db, v, i, code)
    case PickupTimeout(i, open) => D.PickupTimeout(db, i, open)
    case DeliveryTimeout(i, open) => D.DeliveryTimeout(db, i, open)
  }

  predicate IsPaymentStep(step: Step) {
    step.PaidOrder? || step.RecoverPayment? || step.FailedOrder? || step.RecoverStaleHold?
  }

  function ExecutePayment(db: Db, step: Step): Result
    requires IsPaymentStep(step)
  {
    match step
    case PaidOrder(i) => Done(P.PaidOrder(db, i))
    case RecoverPayment(i) => P.RecoverPayment(db, i)
    case FailedOrder(i, expired) => P.FailedOrder(db, i, expired)
    case RecoverStaleHold(i) => P.RecoverStaleHold(db, i)
  }

  predicate IsRefundStep(step: Step) {
    step.PrepareRefund? || step.PrepareDepositRefund? || step.GatewayReplies? || step.PersistRefund? ||
    step.PersistDepositRefund? || step.RefundEvent?
  }

  function ExecuteRefund(db: Db, step: Step): Result
    requires IsRefundStep(step)
  {
    match step
    case PrepareRefund(i, execute) => F.PrepareRefund(db, i, execute)
    case PrepareDepositRefund(i, execute) => F.PrepareDepositRefund(db, i, execute)
    case GatewayReplies(c, s) => F.GatewayReplies(db, c, s)
    case PersistRefund(c, s) => F.PersistRefund(db, c, s)
    case PersistDepositRefund(c, s) => F.PersistDepositRefund(db, c, s)
    case RefundEvent(c, s, retry) => F.RefundEvent(db, c, s, retry)
  }

  function Execute(db: Db, step: Step): Result {
    if IsListingStep(step) then ExecuteListing(db, step)
    else if IsClaimStep(step) then ExecuteClaim(db, step)
    else if IsDeliveryStep(step) then ExecuteDelivery(db, step)
    else if IsPaymentStep(step) then ExecutePayment(db, step)
    else ExecuteRefund(db, step)
  }

  function Apply(db: Db, step: Step): Db {
    match Execute(db, step)
    case Done(d) => d
    case Rejected(_) => db
  }

  /** The state after a run. */
  function Run(db: Db, steps: seq<Step>): Db
    decreases |steps|
  {
    if |steps| == 0 then db else Apply(Run(db, steps[..|steps| - 1]), steps[|steps| - 1])
  }

  lemma StepRuns(db: Db, steps: seq<Step>, step: Step)
    ensures Run(db, steps + [step]) == Apply(Run(db, steps), step)
  {
    assert (steps + [step])[..|steps + [step]| - 1] == steps;
  }

  lemma OneStep(db: Db, step: Step)
    ensures Run(db, [step]) == Apply(db, step)
  {
    assert [step][..0] == [];
    assert Run(db, []) == db;
  }

  // ---------- what single steps do ----------

  function After(db: Db, result: Result): Db {
    match result
    case Done(d) => d
    case Rejected(_) => db
  }

  lemma PaidOrderApplies(db: Db, i: nat)
    ensures Apply(db, PaidOrder(i)) == P.PaidOrder(db, i)
  {
  }

  lemma RecoverPaymentApplies(db: Db, i: nat)
    ensures Apply(db, RecoverPayment(i)) == After(db, P.RecoverPayment(db, i))
  {
  }

  lemma AcceptRequestApplies(db: Db, ngo: nat, q: nat, approved: set<nat>, terms: R.NgoTerms)
    ensures Apply(db, AcceptRequest(ngo, q, approved, terms)) == After(db, R.AcceptRequest(db, ngo, q, approved, terms))
  {
  }

  lemma HoldStockApplies(db: Db, user: nat, l: nat, q: int, approved: bool, canReserve: bool)
    ensures Apply(db, HoldStock(user, l, q, approved, canReserve))
            == After(db, R.HoldStock(db, user, l, q, approved, canReserve))
  {
  }

  lemma OpenPaymentSessionApplies(db: Db, i: nat, deposit: nat, commits: bool)
    ensures Apply(db, OpenPaymentSession(i, deposit, commits))
            == After(db, R.OpenPaymentSession(db, i, deposit, commits))
  {
  }

  lemma CompensateHoldApplies(db: Db, i: nat)
    ensures Apply(db, CompensateHold(i)) == After(db, R.CompensateHold(db, i))
  {
  }

  lemma CancelReservationApplies(db: Db, user: nat, i: nat)
    ensures Apply(db, CancelReservation(user, i)) == After(db, R.CancelReservation(db, user, i))
  {
  }

  lemma PrepareRefundApplies(db: Db, i: nat, execute: bool)
    ensures Apply(db, PrepareRefund(i, execute)) == After(db, F.PrepareRefund(db, i, execute))
  {
  }

  lemma GatewayRepliesApplies(db: Db, c: RefundCall, s: GatewayStatus)
    ensures Apply(db, GatewayReplies(c, s)) == After(db, F.GatewayReplies(db, c, s))
  {
  }

  lemma PersistRefundApplies(db: Db, c: RefundCall, s: GatewayStatus)
    ensures Apply(db, PersistRefund(c, s)) == After(db, F.PersistRefund(db, c, s))
  {
  }

  lemma RefundEventApplies(db: Db, c: RefundCall, s: GatewayStatus, retry: bool)
    ensures Apply(db, RefundEvent(c, s, retry)) == After(db, F.RefundEvent(db, c, s, retry))
  {
  }

  lemma TickApplies(db: Db, elapsed: nat)
    ensures Apply(db, Tick(elapsed)) == After(db, L.Advance(db, elapsed))
  {
  }

  lemma PostListingApplies(db: Db, provider: nat, quantity: int, start: Option<int>, deadline: int, isFree: bool)
    ensures Apply(db, PostListing(provider, quantity, start, deadline, isFree))
            == After(db, L.PostListing(db, provider, quantity, start, deadline, isFree))
  {
  }

  lemma EditListingApplies(db: Db, provider: nat, l: nat, e: L.Edit)
    ensures Apply(db, EditListing(provider, l, e)) == After(db, L.EditListing(db, provider, l, e))
  {
  }

  lemma ArchiveListingApplies(db: Db, provider: nat, l: nat)
    ensures Apply(db, ArchiveListing(provider, l)) == After(db, L.ArchiveListing(db, provider, l))
  {
  }

  lemma ExpireListingApplies(db: Db, l: nat, expected: Option<int>, open: set<nat>)
    ensures Apply(db, ExpireListing(l, expected, open)) == After(db, L.ExpireListing(db, l, expected, open))
  {
  }

  lemma RequestRescueApplies(db: Db, provider: nat, l: nat, ngo: nat, v: L.Rescue)
    ensures Apply(db, RequestRescue(provider, l, ngo, v)) == After(db, L.RequestRescue(db, provider, l, ngo, v))
  {
  }

  lemma RejectRequestApplies(db: Db, ngo: nat, q: nat)
    ensures Apply(db, RejectRequest(ngo, q)) == After(db, L.RejectRequest(db, ngo, q))
  {
  }

  lemma BulkReserveApplies(db: Db, user: nat, items: seq<R.Item>, approved: set<nat>, terms: R.NgoTerms)
    ensures Apply(db, BulkReserve(user, items, approved, terms))
            == After(db, R.BulkReserve(db, user, items, approved, terms))
  {
  }

  lemma MarkPickedUpApplies(db: Db, provider: nat, i: nat, codeOk: bool)
    ensures Apply(db, MarkPickedUp(provider, i, codeOk)) == After(db, R.MarkPickedUp(db, provider, i, codeOk))
  {
  }

  lemma StartTaskApplies(db: Db, v: nat, i: nat, raced: bool)
    ensures Apply(db, StartTask(v, i, raced)) == After(db, D.StartTask(db, v, i, raced))
  {
  }

  lemma CompleteTaskApplies(db: Db, v: nat, i: nat, codeOk: bool)
    ensures Apply(db, CompleteTask(v, i, codeOk)) == After(db, D.CompleteTask(db, v, i, codeOk))
  {
  }

  lemma PickupTimeoutApplies(db: Db, i: nat, open: set<nat>)
    ensures Apply(db, PickupTimeout(i, open)) == After(db, D.PickupTimeout(db, i, open))
  {
  }

  lemma DeliveryTimeoutApplies(db: Db, i: nat, open: set<nat>)
    ensures Apply(db, DeliveryTimeout(i, open)) == After(db, D.DeliveryTimeout(db, i, open))
  {
  }

  lemma FailedOrderApplies(db: Db, i: nat, expired: bool)
    ensures Apply(db, FailedOrder(i, expired)) == After(db, P.FailedOrder(db, i, expired))
  {
  }

  lemma RecoverStaleHoldApplies(db: Db, i: nat)
    ensures Apply(db, RecoverStaleHold(i)) == After(db, P.RecoverStaleHold(db, i))
  {
  }

  lemma PrepareDepositRefundApplies(db: Db, i: nat, execute: bool)
    ensures Apply(db, PrepareDepositRefund(i, execute)) == After(db, F.PrepareDepositRefund(db, i, execute))
  {
  }

  lemma PersistDepositRefundApplies(db: Db, c: RefundCall, s: GatewayStatus)
    ensures Apply(db, PersistDepositRefund(c, s)) == After(db, F.PersistDepositRefund(db, c, s))
  {
  }

  // ---------- runs given state by state ----------

  function Steps(step: nat -> Step, n: nat): seq<Step> {
    if n == 0 then [] else Steps(step, n - 1) + [step(n - 1)]
  }

  lemma {:induction false} PathRuns(state: nat -> Db, step: nat -> Step, n: nat)
    requires forall k: nat :: k < n ==> Apply(state(k), step(k)) == state(k + 1)
    ensures Run(state(0), Steps(step, n)) == state(n)
  {
    if n > 0 {
      PathRuns(state, step, n - 1);
      StepRuns(state(0), Steps(step, n - 1), step(n - 1));
    }
  }

  /** A state is reachable when some run from the empty database ends in it. */
  ghost predicate Reachable(db: Db) {
    exists start: int, steps: seq<Step> :: Run(EmptyDb(start), steps) == db
  }

  lemma {:induction false} RunSplits(db: Db, a: seq<Step>, b: seq<Step>)
    ensures Run(db, a + b) == Run(Run(db, a), b)
    decreases |b|
  {
    if |b| == 0 {
      assert a + b == a;
    } else {
      var c := b[..|b| - 1];
      assert (a + b)[..|a + b| - 1] == a + c;
      RunSplits(db, a, c);
    }
  }

  lemma ReachableFromEmpty(start: int, steps: seq<Step>)
    ensures Reachable(Run(EmptyDb(start), steps))
  {
  }
}
