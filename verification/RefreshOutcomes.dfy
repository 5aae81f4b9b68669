/** What a refresh does, told from outside: when it is let through, when it succeeds and with what, and
    that nothing but an unexpired token was ever rotated (auth.controller.js). */
module RefreshOutcomes {
  import opened Model
  import opened TokenRotation

  const WEEK: int := 7 * 24 * 60 * MINUTE

  /** Request `k` is all that changes. */
  predicate OnlyRequest(a: Auth, b: Auth, k: nat) {
    k < |a.requests| == |b.requests| && forall j :: 0 <= j < |a.requests| && j != k ==> b.requests[j] == a.requests[j]
  }

  predicate OnlyUser(a: Auth, b: Auth, u: nat) {
    u < |a.users| == |b.users| && forall v :: 0 <= v < |a.users| && v != u ==> b.users[v] == a.users[v]
  }

  /** The user may go on with this token. */
  predicate Presents(a: Auth, u: nat, token: nat) {
    u < |a.users| && a.users[u].token == Some(token) && a.now <= a.users[u].expiry
  }

  predicate Expired(a: Auth, token: nat) {
    exists u :: 0 <= u < |a.users| && a.users[u].token == Some(token) && a.users[u].expiry < a.now
  }

  /** A request is let through for the user who holds the token, refused when the token has expired, and
      sent to the grace cache when nobody holds it. */
  ghost predicate SelectPromise(a: Auth, b: Auth, token: nat, fingerprint: nat) {
    |b.requests| == |a.requests| + 1 && b == a.(requests := b.requests) &&
    (forall j :: 0 <= j < |a.requests| ==> b.requests[j] == a.requests[j]) &&
    var r := b.requests[|a.requests|];
    (forall u: nat :: r == Found(token, fingerprint, u) <==> Presents(a, u, token)) &&
    (r.Found? ==> r == Found(token, fingerprint, r.user)) &&
    (r == Failed <==> Expired(a, token)) &&
    (r == Polling(token, fingerprint, 5) <==> forall u :: 0 <= u < |a.users| ==> a.users[u].token != Some(token))
  }

  /** A session is fresh: neither of its tokens has been issued before. */
  predicate FreshSession(a: Auth, b: Auth, s: Session) {
    a.next <= s.refresh < b.next && a.next <= s.access < b.next && s.refresh != s.access
  }

  /** The user holds a new token, for a week, on this device. */
  predicate Issued(a: Auth, b: Auth, u: nat, token: nat, fingerprint: nat) {
    OnlyUser(a, b, u) && b.users[u] == User(Some(token), a.now + WEEK, fingerprint, a.users[u].version)
  }

  /** The first to swap a token gets a session of its own; whoever finds it gone looks into the cache. */
  predicate SwapPromise(a: Auth, b: Auth, k: nat) {
    if k < |a.requests| && a.requests[k].Found? then
      var r := a.requests[k];
      OnlyRequest(a, b, k) &&
      if r.user < |a.users| && a.users[r.user].token == Some(r.token) then
        b.requests[k].Rotated? && b.requests[k].token == r.token &&
        var s := b.requests[k].session;
        FreshSession(a, b, s) && s.fingerprint == r.fingerprint && s.user == r.user &&
        Issued(a, b, r.user, s.refresh, r.fingerprint) && b.wins == a.wins + [(r.token, s)] &&
        b == a.(users := b.users, requests := b.requests, next := b.next, wins := b.wins)
      else b.requests[k] == Polling(r.token, r.fingerprint, 5) && b == a.(requests := b.requests)
    else b == a
  }

  /** The new session is handed out, and kept for ten seconds if the cache takes it. */
  predicate RememberPromise(a: Auth, b: Auth, k: nat, stored: bool) {
    if k < |a.requests| && a.requests[k].Rotated? then
      var token, s := a.requests[k].token, a.requests[k].session;
      OnlyRequest(a, b, k) && b.requests[k] == Succeeded(token, s.fingerprint, s) &&
      b == a.(requests := b.requests, cache := b.cache) &&
      b.cache == if stored then a.cache[token := Entry(s, a.now + 10_000)] else a.cache
    else b == a
  }

  /** Whoever finds the session of its own device in the cache gets it, whoever finds that of another
      revokes it, and whoever finds nothing five times gives up. */
  predicate PollPromise(a: Auth, b: Auth, k: nat) {
    if k < |a.requests| && a.requests[k].Polling? then
      var r := a.requests[k];
      OnlyRequest(a, b, k) && b == a.(requests := b.requests) &&
      if r.token in a.cache && a.now < a.cache[r.token].until then
        var s := a.cache[r.token].session;
        b.requests[k] == if s.fingerprint == r.fingerprint then Succeeded(r.token, r.fingerprint, s)
                         else Revoking(s.user)
      else b.requests[k] == if r.attempts >= 2 then Polling(r.token, r.fingerprint, r.attempts - 1) else Failed
    else b == a
  }

  predicate LoggedOut(a: Auth, b: Auth, u: nat, raised: nat) {
    OnlyUser(a, b, u) && b.users[u] == User(None, 0, 0, a.users[u].version + raised)
  }

  /** The session of the user is over, and the request has failed. */
  predicate RevokePromise(a: Auth, b: Auth, k: nat) {
    if k < |a.requests| && a.requests[k].Revoking? then
      OnlyRequest(a, b, k) && b.requests[k] == Failed && b == a.(users := b.users, requests := b.requests) &&
      if a.requests[k].user < |a.users| then LoggedOut(a, b, a.requests[k].user, 0) else b.users == a.users
    else b == a
  }

  predicate LoginPromise(a: Auth, b: Auth, u: nat, fingerprint: nat) {
    if u < |a.users| then
      u < |b.users| && b.users[u].token.Some? && a.next <= b.users[u].token.value < b.next &&
      Issued(a, b, u, b.users[u].token.value, fingerprint) && b == a.(users := b.users, next := b.next)
    else b == a
  }

  predicate LogoutPromise(a: Auth, b: Auth, u: nat) {
    if u < |a.users| then LoggedOut(a, b, u, 1) && b == a.(users := b.users) else b == a
  }

  predicate LogoutTokenPromise(a: Auth, b: Auth, token: nat) {
    b == a.(users := b.users) && |b.users| == |a.users| &&
    forall u :: 0 <= u < |a.users| ==>
      b.users[u] == if a.users[u].token == Some(token) then User(None, 0, 0, a.users[u].version + 1) else a.users[u]
  }

  ghost predicate Promise(a: Auth, b: Auth, step: Step) {
    match step
    case Tick(elapsed) => b == a.(now := a.now + elapsed)
    case Register => b == a.(users := a.users + [User(None, 0, 0, 0)])
    case Login(u, fingerprint) => LoginPromise(a, b, u, fingerprint)
    case Logout(u) => LogoutPromise(a, b, u)
    case LogoutToken(token) => LogoutTokenPromise(a, b, token)
    case Select(token, fingerprint) => SelectPromise(a, b, token, fingerprint)
    case Swap(k) => SwapPromise(a, b, k)
    case Remember(k, stored) => RememberPromise(a, b, k, stored)
    case Poll(k) => PollPromise(a, b, k)
    case Revoke(k) => RevokePromise(a, b, k)
    case Evict(token) => b == a.(cache := a.cache - {token})
  }

  lemma SelectPromised(a: Auth, token: nat, fingerprint: nat)
    requires Inv(a)
    ensures SelectPromise(a, SelectUser(a, token, fingerprint), token, fingerprint)
  {
    var owner := Owner(a.users, token);
    forall u: nat | u < |a.users| && a.users[u].token == Some(token)
      ensures owner == Some(u)
    {
      assert Holds(a.users[u], token);
    }
  }

  /** Every step of every run does what it promises. */
  lemma StepPromised(a: Auth, step: Step)
    requires Reachable(a)
    ensures Promise(a, Apply(a, step), step)
  {
    if step.Select? {
      ReachableInv(a);
      SelectPromised(a, step.token, step.fingerprint);
    }
  }

  // ---------- a refresh succeeds ----------

  lemma RunSteps(a: Auth, steps: seq<Step>, step: Step)
    ensures Run(a, steps + [step]) == Apply(Run(a, steps), step)
  {
    assert (steps + [step])[..|steps|] == steps;
  }

  /** The statements of one refresh, request `k`, when the swap goes through. */
  function Refresh(token: nat, fingerprint: nat, k: nat, stored: bool): seq<Step> {
    [] + [Select(token, fingerprint)] + [Swap(k)] + [Remember(k, stored)]
  }

  lemma RefreshRuns(a: Auth, token: nat, fingerprint: nat, k: nat, stored: bool)
    ensures Run(a, Refresh(token, fingerprint, k, stored))
            == Apply(Apply(Apply(a, Select(token, fingerprint)), Swap(k)), Remember(k, stored))
  {
    RunSteps(a, [], Select(token, fingerprint));
    RunSteps(a, [] + [Select(token, fingerprint)], Swap(k));
    RunSteps(a, [] + [Select(token, fingerprint)] + [Swap(k)], Remember(k, stored));
  }

  /** Request `k` has succeeded for user `u`, who holds the new token for a week. */
  predicate Refreshed(a: Auth, b: Auth, k: nat, u: nat, token: nat, fingerprint: nat)
    requires u < |a.users|
  {
    k < |b.requests| && b.requests[k].Succeeded? && u < |b.users| && b.now == a.now &&
    var s := b.requests[k].session;
    b.requests[k] == Succeeded(token, fingerprint, s) && s.fingerprint == fingerprint && s.user == u &&
    b.users[u] == User(Some(s.refresh), a.now + WEEK, fingerprint, a.users[u].version)
  }

  /** The new session is in the grace cache for ten seconds. */
  predicate Graced(b: Auth, k: nat, token: nat, now: int)
    requires k < |b.requests| && b.requests[k].Succeeded?
  {
    token in b.cache && b.cache[token] == Entry(b.requests[k].session, now + 10_000)
  }

  lemma ThreeStatements(a: Auth, b: Auth, c: Auth, d: Auth, u: nat, token: nat, fingerprint: nat, stored: bool)
    requires Presents(a, u, token) && SelectPromise(a, b, token, fingerprint)
    requires SwapPromise(b, c, |a.requests|) && RememberPromise(c, d, |a.requests|, stored)
    ensures Refreshed(a, d, |a.requests|, u, token, fingerprint)
    ensures stored ==> Graced(d, |a.requests|, token, a.now)
  {
    assert b.requests[|a.requests|] == Found(token, fingerprint, u);
  }

  lemma RefreshPromised(a: Auth, token: nat, fingerprint: nat, stored: bool)
    requires Reachable(a)
    ensures var n := |a.requests|;
            var b := Apply(a, Select(token, fingerprint));
            var c := Apply(b, Swap(n));
            SelectPromise(a, b, token, fingerprint) && SwapPromise(b, c, n) &&
            RememberPromise(c, Apply(c, Remember(n, stored)), n, stored) && Reachable(Apply(c, Remember(n, stored)))
  {
    var n := |a.requests|;
    var b := Apply(a, Select(token, fingerprint));
    var c := Apply(b, Swap(n));
    StepIsReachable(a, Select(token, fingerprint));
    StepIsReachable(b, Swap(n));
    StepIsReachable(c, Remember(n, stored));
    StepPromised(a, Select(token, fingerprint));
    StepPromised(b, Swap(n));
    StepPromised(c, Remember(n, stored));
  }

  /** A refresh with a live, unexpired token that nobody disturbs succeeds: it hands out a token that
      its user now holds, for a week. */
  lemma RefreshSucceeds(a: Auth, u: nat, token: nat, fingerprint: nat, stored: bool)
    requires Reachable(a) && Presents(a, u, token)
    ensures var b := Run(a, Refresh(token, fingerprint, |a.requests|, stored));
            Reachable(b) && Refreshed(a, b, |a.requests|, u, token, fingerprint) &&
            (stored ==> Graced(b, |a.requests|, token, a.now))
  {
    var n := |a.requests|;
    var b := Apply(a, Select(token, fingerprint));
    var c := Apply(b, Swap(n));
    RefreshRuns(a, token, fingerprint, n, stored);
    RefreshPromised(a, token, fingerprint, stored);
    ThreeStatements(a, b, c, Apply(c, Remember(n, stored)), u, token, fingerprint, stored);
  }

  lemma SecondLook(a: Auth, b: Auth, c: Auth, k: nat, token: nat, fingerprint: nat, until: int)
    requires k < |a.requests| && a.requests[k].Succeeded? && a.requests[k].token == token
    requires a.requests[k].fingerprint == fingerprint == a.requests[k].session.fingerprint
    requires token in a.cache && a.cache[token] == Entry(a.requests[k].session, until) && a.now < until
    requires forall u :: 0 <= u < |a.users| ==> a.users[u].token != Some(token)
    requires SelectPromise(a, b, token, fingerprint) && PollPromise(b, c, |a.requests|)
    ensures |a.requests| < |c.requests| && c.requests[|a.requests|] == c.requests[k] == a.requests[k]
  {
  }

  lemma SucceededIsRetired(a: Auth, k: nat)
    requires Reachable(a) && k < |a.requests| && a.requests[k].Succeeded?
    ensures forall u :: 0 <= u < |a.users| ==> a.users[u].token != Some(a.requests[k].token)
  {
    ReachableInv(a);
    assert PhaseOk(a, a.requests[k]);
    var i :| 0 <= i < |a.wins| && a.wins[i] == (a.requests[k].token, a.requests[k].session);
    forall u | 0 <= u < |a.users| ensures a.users[u].token != Some(a.requests[k].token) {
      assert !Holds(a.users[u], a.wins[i].0);
    }
  }

  /** The old token is dead after that; but as long as its session is in the grace cache, the same
      device gets the same session for it. */
  lemma GraceGivesTheSameSession(a: Auth, k: nat, until: int)
    requires Reachable(a) && k < |a.requests| && a.requests[k].Succeeded?
    requires a.requests[k].token in a.cache && a.cache[a.requests[k].token] == Entry(a.requests[k].session, until)
    requires a.now < until
    ensures var n := |a.requests|;
            var r := a.requests[k];
            var b := Apply(Apply(a, Select(r.token, r.fingerprint)), Poll(n));
            n < |b.requests| && b.requests[n] == a.requests[k]
  {
    var r := a.requests[k];
    var b := Apply(a, Select(r.token, r.fingerprint));
    SucceededIsRetired(a, k);
    ReachableInv(a);
    assert PhaseOk(a, r);
    StepIsReachable(a, Select(r.token, r.fingerprint));
    StepPromised(a, Select(r.token, r.fingerprint));
    StepPromised(b, Poll(|a.requests|));
    SecondLook(a, b, Apply(b, Poll(|a.requests|)), k, r.token, r.fingerprint, until);
  }

  // ---------- nothing but unexpired tokens is rotated ----------

  /** Step `m` of the run let a request with this token through for user `u`, who held it unexpired. */
  predicate LetThrough(steps: seq<Step>, m: nat, token: nat, fingerprint: nat, u: nat)
    requires m < |steps|
  {
    steps[m] == Select(token, fingerprint) && Presents(Run(EMPTY, steps[..m]), u, token)
  }

  predicate WasLetThrough(steps: seq<Step>, token: nat, fingerprint: nat, u: nat) {
    exists m :: 0 <= m < |steps| && LetThrough(steps, m, token, fingerprint, u)
  }

  lemma LaterToo(steps: seq<Step>, n: nat, token: nat, fingerprint: nat, u: nat)
    requires n <= |steps| && WasLetThrough(steps[..n], token, fingerprint, u)
    ensures WasLetThrough(steps, token, fingerprint, u)
  {
    var m :| 0 <= m < n && LetThrough(steps[..n], m, token, fingerprint, u);
    assert steps[..n][..m] == steps[..m];
    assert LetThrough(steps, m, token, fingerprint, u);
  }

  /** Everyone who may swap, and everyone who has won a swap, was let through before. */
  predicate AllLetThrough(a: Auth, steps: seq<Step>) {
    (forall k :: 0 <= k < |a.requests| && a.requests[k].Found? ==>
       WasLetThrough(steps, a.requests[k].token, a.requests[k].fingerprint, a.requests[k].user)) &&
    forall i :: 0 <= i < |a.wins| ==> WasLetThrough(steps, a.wins[i].0, a.wins[i].1.fingerprint, a.wins[i].1.user)
  }

  lemma SelectLetsThrough(a: Auth, b: Auth, steps: seq<Step>, token: nat, fingerprint: nat)
    requires a == Run(EMPTY, steps) && SelectPromise(a, b, token, fingerprint) && AllLetThrough(a, steps)
    ensures AllLetThrough(b, steps + [Select(token, fingerprint)])
  {
    var all := steps + [Select(token, fingerprint)];
    assert all[..|steps|] == steps;
    forall k | 0 <= k < |b.requests| && b.requests[k].Found?
      ensures WasLetThrough(all, b.requests[k].token, b.requests[k].fingerprint, b.requests[k].user)
    {
      if k < |a.requests| {
        LaterToo(all, |steps|, b.requests[k].token, b.requests[k].fingerprint, b.requests[k].user);
      } else {
        assert LetThrough(all, |steps|, token, fingerprint, b.requests[k].user);
      }
    }
    forall i | 0 <= i < |b.wins|
      ensures WasLetThrough(all, b.wins[i].0, b.wins[i].1.fingerprint, b.wins[i].1.user)
    {
      LaterToo(all, |steps|, b.wins[i].0, b.wins[i].1.fingerprint, b.wins[i].1.user);
    }
  }

  /** Every other step: a request that may swap was there before, and a swap is won by one that was. */
  lemma OthersLetThrough(a: Auth, b: Auth, steps: seq<Step>, step: Step)
    requires !step.Select? && Promise(a, b, step) && AllLetThrough(a, steps)
    ensures AllLetThrough(b, steps + [step])
  {
    var all := steps + [step];
    assert all[..|steps|] == steps;
    forall k | 0 <= k < |b.requests| && b.requests[k].Found?
      ensures WasLetThrough(all, b.requests[k].token, b.requests[k].fingerprint, b.requests[k].user)
    {
      FoundBefore(a, b, step, k);
      LaterToo(all, |steps|, b.requests[k].token, b.requests[k].fingerprint, b.requests[k].user);
    }
    forall i | 0 <= i < |b.wins|
      ensures WasLetThrough(all, b.wins[i].0, b.wins[i].1.fingerprint, b.wins[i].1.user)
    {
      WonBefore(a, b, step, i);
      LaterToo(all, |steps|, b.wins[i].0, b.wins[i].1.fingerprint, b.wins[i].1.user);
    }
  }

  lemma FoundBefore(a: Auth, b: Auth, step: Step, k: nat)
    requires !step.Select? && Promise(a, b, step) && k < |b.requests| && b.requests[k].Found?
    ensures k < |a.requests| && a.requests[k] == b.requests[k]
  {
  }

  lemma WonBefore(a: Auth, b: Auth, step: Step, i: nat)
    requires !step.Select? && Promise(a, b, step) && i < |b.wins|
    ensures (i < |a.wins| && a.wins[i] == b.wins[i]) ||
            (step.Swap? && step.request < |a.requests| && a.requests[step.request]
               == Found(b.wins[i].0, b.wins[i].1.fingerprint, b.wins[i].1.user))
  {
  }

  lemma {:induction false} RunLetsThrough(steps: seq<Step>)
    ensures AllLetThrough(Run(EMPTY, steps), steps)
    decreases |steps|
  {
    if |steps| > 0 {
      var front, last := steps[..|steps| - 1], steps[|steps| - 1];
      var a := Run(EMPTY, front);
      RunLetsThrough(front);
      assert Reachable(a);
      StepPromised(a, last);
      assert steps == front + [last];
      if last.Select? {
        SelectLetsThrough(a, Apply(a, last), front, last.token, last.fingerprint);
      } else {
        OthersLetThrough(a, Apply(a, last), front, last);
      }
    }
  }

  /** Whoever wins a swap had presented the token before, while holding it unexpired. */
  lemma RotatedWasUnexpired(steps: seq<Step>, i: nat)
    requires i < |Run(EMPTY, steps).wins|
    ensures var (token, s) := Run(EMPTY, steps).wins[i];
            exists m :: 0 <= m < |steps| && steps[m] == Select(token, s.fingerprint) &&
                        Presents(Run(EMPTY, steps[..m]), s.user, token)
  {
    RunLetsThrough(steps);
    var (token, s) := Run(EMPTY, steps).wins[i];
    var m :| 0 <= m < |steps| && LetThrough(steps, m, token, s.fingerprint, s.user);
  }
}
