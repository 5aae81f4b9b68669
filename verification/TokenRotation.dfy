/** Rotation of refresh tokens (auth.controller.js), with any number of requests in flight. Every
    statement against the database or the cache is a step of its own. */
module TokenRotation {
  import opened Model

  /** A token stands for itself and for its hash. */
  datatype User = User(token: Option<nat>, expiry: int, device: nat, version: nat)

  /** What a successful refresh hands out. */
  datatype Session = Session(refresh: nat, access: nat, fingerprint: nat, user: nat)

  datatype Entry = Entry(session: Session, until: int)

  /** Where a refresh request is. `Revoking` has found a cached session of another device. */
  datatype Phase =
    | Found(token: nat, fingerprint: nat, user: nat)
    | Rotated(token: nat, session: Session)
    | Polling(token: nat, fingerprint: nat, attempts: nat)
    | Revoking(user: nat)
    | Succeeded(token: nat, fingerprint: nat, session: Session)
    | Failed

  /** `wins` is the history of the compare-and-swap: which session each old token was rotated into. */
  datatype Auth = Auth(now: int, users: seq<User>, cache: map<nat, Entry>, requests: seq<Phase>, next: nat,
                       wins: seq<(nat, Session)>)

  datatype Step =
    | Tick(elapsed: nat)
    | Register
    | Login(user: nat, fingerprint: nat)
    | Logout(user: nat)
    | LogoutToken(token: nat)
    | Select(token: nat, fingerprint: nat)
    | Swap(request: nat)
    | Remember(request: nat, stored: bool)
    | Poll(request: nat)
    | Revoke(request: nat)
    | Evict(token: nat)

  const GRACE: int := 10_000
  const LIFETIME: int := 7 * 24 * 60 * MINUTE
  const ATTEMPTS: nat := 5

  predicate Holds(u: User, token: nat) {
    u.token == Some(token)
  }

  /** The first user the SELECT finds. */
  function Owner(users: seq<User>, token: nat): (owner: Option<nat>)
    ensures owner.Some? ==> owner.value < |users| && Holds(users[owner.value], token)
    ensures owner.None? ==> forall u :: 0 <= u < |users| ==> !Holds(users[u], token)
  {
    if |users| == 0 then None
    else
      var before := Owner(users[..|users| - 1], token);
      if before.Some? then before
      else if Holds(users[|users| - 1], token) then Some(|users| - 1) else None
  }

  function Clear(u: User): User {
    u.(token := None, expiry := 0, device := 0)
  }

  /** The row of a user who holds the newest token. */
  function Issue(u: User, token: nat, fingerprint: nat, now: int): User {
    u.(token := Some(token), expiry := now + LIFETIME, device := fingerprint)
  }

  function LogoutAll(users: seq<User>, token: nat): (out: seq<User>)
    ensures |out| == |users|
  {
    seq(|users|, u requires 0 <= u < |users| =>
      if Holds(users[u], token) then Clear(users[u]).(version := users[u].version + 1) else users[u])
  }

  /** The first statement of `refreshToken`. */
  function SelectUser(a: Auth, token: nat, fingerprint: nat): Auth {
    var owner := Owner(a.users, token);
    var phase :=
      if owner.None? then Polling(token, fingerprint, ATTEMPTS)
      else if a.users[owner.value].expiry < a.now then Failed
      else Found(token, fingerprint, owner.value);
    a.(requests := a.requests + [phase])
  }

  /** The compare-and-swap. */
  function SwapToken(a: Auth, k: nat): Auth {
    if k >= |a.requests| || !a.requests[k].Found? then a
    else
      var r := a.requests[k];
      if r.user >= |a.users| || !Holds(a.users[r.user], r.token) then
        a.(requests := a.requests[k := Polling(r.token, r.fingerprint, ATTEMPTS)])
      else
        var session := Session(a.next, a.next + 1, r.fingerprint, r.user);
        a.(users := a.users[r.user := Issue(a.users[r.user], a.next, r.fingerprint, a.now)],
           requests := a.requests[k := Rotated(r.token, session)],
           next := a.next + 2,
           wins := a.wins + [(r.token, session)])
  }

  /** The grace cache is written after the swap; a failing cache is only logged. */
  function RememberSession(a: Auth, k: nat, stored: bool): Auth {
    if k >= |a.requests| || !a.requests[k].Rotated? then a
    else
      var r := a.requests[k];
      a.(cache := if stored then a.cache[r.token := Entry(r.session, a.now + GRACE)] else a.cache,
         requests := a.requests[k := Succeeded(r.token, r.session.fingerprint, r.session)])
  }

  predicate Cached(a: Auth, token: nat) {
    token in a.cache && a.now < a.cache[token].until
  }

  /** One look into the cache. */
  function PollCache(a: Auth, k: nat): Auth {
    if k >= |a.requests| || !a.requests[k].Polling? then a
    else
      var r := a.requests[k];
      var phase :=
        if Cached(a, r.token) then
          var session := a.cache[r.token].session;
          if session.fingerprint == r.fingerprint then Succeeded(r.token, r.fingerprint, session)
            else Revoking(session.user)
        else if r.attempts > 1 then r.(attempts := r.attempts - 1)
        else Failed;
      a.(requests := a.requests[k := phase])
  }

  function RevokeUser(a: Auth, k: nat): Auth {
    if k >= |a.requests| || !a.requests[k].Revoking? then a
    else
      var u := a.requests[k].user;
      a.(users := if u < |a.users| then a.users[u := Clear(a.users[u])] else a.users,
         requests := a.requests[k := Failed])
  }

  function Apply(a: Auth, step: Step): Auth {
    match step
    case Tick(elapsed) => a.(now := a.now + elapsed)
    case Register => a.(users := a.users + [User(None, 0, 0, 0)])
    case Login(u, fp) =>
      if u >= |a.users| then a
      else a.(users := a.users[u := Issue(a.users[u], a.next, fp, a.now)], next := a.next + 2)
    case Logout(u) =>
      if u >= |a.users| then a
      else a.(users := a.users[u := Clear(a.users[u]).(version := a.users[u].version + 1)])
    case LogoutToken(t) => a.(users := LogoutAll(a.users, t))
    case Select(t, fp) => SelectUser(a, t, fp)
    case Swap(k) => SwapToken(a, k)
    case Remember(k, stored) => RememberSession(a, k, stored)
    case Poll(k) => PollCache(a, k)
    case Revoke(k) => RevokeUser(a, k)
    case Evict(t) => a.(cache := a.cache - {t})
  }

  function Run(a: Auth, steps: seq<Step>): Auth
    decreases |steps|
  {
    if |steps| == 0 then a else Apply(Run(a, steps[..|steps| - 1]), steps[|steps| - 1])
  }

  const EMPTY := Auth(0, [], map[], [], 0, [])

  ghost predicate Reachable(a: Auth) {
    exists steps: seq<Step> :: Run(EMPTY, steps) == a
  }

  // ---------- the invariant ----------

  predicate Won(a: Auth, token: nat, session: Session) {
    exists i :: 0 <= i < |a.wins| && a.wins[i] == (token, session)
  }

  /** A live token has been issued, is held by one user, and has not been rotated. */
  predicate LiveOk(a: Auth) {
    (forall u :: 0 <= u < |a.users| && a.users[u].token.Some? ==> a.users[u].token.value < a.next) &&
    (forall u, v :: 0 <= u < v < |a.users| && a.users[u].token.Some? ==> a.users[u].token != a.users[v].token) &&
    (forall u, i :: 0 <= u < |a.users| && 0 <= i < |a.wins| ==> !Holds(a.users[u], a.wins[i].0))
  }

  /** No token has been rotated twice, and no two rotations made the same token. */
  predicate WinsOk(a: Auth) {
    (forall i :: 0 <= i < |a.wins| ==>
       a.wins[i].0 < a.next && a.wins[i].1.refresh < a.next && a.wins[i].1.user < |a.users|) &&
    (forall i, j :: 0 <= i < j < |a.wins| ==> a.wins[i].0 != a.wins[j].0 && a.wins[i].1.refresh != a.wins[j].1.refresh)
  }

  /** Nobody but the user of a rotation ever holds the token it made. */
  predicate OwnerOk(a: Auth) {
    forall u, i :: 0 <= u < |a.users| && 0 <= i < |a.wins| && Holds(a.users[u], a.wins[i].1.refresh) ==>
                     u == a.wins[i].1.user
  }

  predicate PhaseOk(a: Auth, r: Phase) {
    match r
    case Rotated(t, s) => Won(a, t, s)
    case Succeeded(t, fp, s) => Won(a, t, s) && s.fingerprint == fp
    case Found(t, _, u) => t < a.next
    case _ => true
  }

  predicate CacheOk(a: Auth) {
    forall t :: t in a.cache ==> Won(a, t, a.cache[t].session)
  }

  predicate Inv(a: Auth) {
    LiveOk(a) && WinsOk(a) && OwnerOk(a) && CacheOk(a) &&
    forall k :: 0 <= k < |a.requests| ==> PhaseOk(a, a.requests[k])
  }

  lemma WinsGrow(a: Auth, b: Auth)
    requires Inv(a) && a.next <= b.next && |a.wins| <= |b.wins|
    requires forall i :: 0 <= i < |a.wins| ==> b.wins[i] == a.wins[i]
    ensures forall t: nat, s: Session :: Won(a, t, s) ==> Won(b, t, s)
    ensures forall k :: 0 <= k < |a.requests| ==> PhaseOk(b, a.requests[k])
    ensures forall t :: t in a.cache ==> Won(b, t, a.cache[t].session)
  {
    forall t: nat, s: Session | Won(a, t, s) ensures Won(b, t, s) {
      var i :| 0 <= i < |a.wins| && a.wins[i] == (t, s);
      assert b.wins[i] == (t, s);
    }
    forall k | 0 <= k < |a.requests| ensures PhaseOk(b, a.requests[k]) {
      assert PhaseOk(a, a.requests[k]);
    }
  }

  lemma SwapKeepsLive(a: Auth, k: nat)
    requires Inv(a)
    ensures LiveOk(SwapToken(a, k))
  {
  }

  lemma SwapKeepsWins(a: Auth, k: nat)
    requires Inv(a)
    ensures WinsOk(SwapToken(a, k)) && OwnerOk(SwapToken(a, k))
  {
  }

  lemma SwapKeepsPhases(a: Auth, k: nat)
    requires Inv(a)
    ensures var b := SwapToken(a, k); CacheOk(b) && forall i :: 0 <= i < |b.requests| ==> PhaseOk(b, b.requests[i])
  {
    var b := SwapToken(a, k);
    WinsGrow(a, b);
    if |b.wins| > |a.wins| {
      assert b.wins[|a.wins|] == (a.requests[k].token, b.requests[k].session);
      assert Won(b, a.requests[k].token, b.requests[k].session);
    }
  }

  lemma SwapKeeps(a: Auth, k: nat)
    requires Inv(a)
    ensures Inv(SwapToken(a, k))
  {
    SwapKeepsLive(a, k);
    SwapKeepsWins(a, k);
    SwapKeepsPhases(a, k);
  }

  /** Each user keeps their token, loses it or gets the newest one. */
  predicate Reissues(a: Auth, b: Auth) {
    |a.users| <= |b.users| && a.next <= b.next &&
    b == a.(now := b.now, users := b.users, next := b.next, cache := b.cache) &&
    (forall t :: t in b.cache ==> t in a.cache && b.cache[t] == a.cache[t]) &&
    (forall u :: 0 <= u < |b.users| && b.users[u].token.Some? ==>
       (u < |a.users| && b.users[u].token == a.users[u].token) || (Holds(b.users[u], a.next) && a.next < b.next)) &&
    (forall u, v :: 0 <= u < v < |b.users| && Holds(b.users[u], a.next) ==> !Holds(b.users[v], a.next))
  }

  lemma ReissueKeeps(a: Auth, b: Auth)
    requires Inv(a) && Reissues(a, b)
    ensures Inv(b)
  {
    WinsGrow(a, b);
  }

  /** The steps outside a refresh. */
  predicate MovesUsers(step: Step) {
    step.Tick? || step.Register? || step.Login? || step.Logout? || step.LogoutToken? || step.Evict?
  }

  lemma LoginReissues(a: Auth, u: nat, fingerprint: nat)
    requires Inv(a)
    ensures Reissues(a, Apply(a, Login(u, fingerprint)))
  {
  }

  lemma LogoutTokenReissues(a: Auth, token: nat)
    requires Inv(a)
    ensures Reissues(a, Apply(a, LogoutToken(token)))
  {
  }

  lemma UserStepReissues(a: Auth, step: Step)
    requires Inv(a) && (step.Tick? || step.Register? || step.Logout? || step.Evict?)
    ensures Reissues(a, Apply(a, step))
  {
  }

  /** Steps that touch neither users nor history: requests and cache entries must stay true to it. */
  lemma SameHistoryKeeps(a: Auth, b: Auth)
    requires Inv(a) && b == a.(requests := b.requests, cache := b.cache)
    requires forall k :: 0 <= k < |b.requests| ==> PhaseOk(a, b.requests[k])
    requires forall t :: t in b.cache ==> Won(a, t, b.cache[t].session)
    ensures Inv(b)
  {
    assert forall t: nat, s: Session :: Won(a, t, s) ==> Won(b, t, s);
    forall k | 0 <= k < |b.requests| ensures PhaseOk(b, b.requests[k]) {
      assert PhaseOk(a, b.requests[k]);
    }
  }

  lemma RevokeReissues(a: Auth, k: nat)
    requires Inv(a)
    ensures Reissues(a, a.(users := RevokeUser(a, k).users))
  {
  }

  lemma RevokeKeeps(a: Auth, k: nat)
    requires Inv(a)
    ensures Inv(RevokeUser(a, k))
  {
    var b := RevokeUser(a, k);
    var cleared := a.(users := b.users);
    RevokeReissues(a, k);
    ReissueKeeps(a, cleared);
    SameHistoryKeeps(cleared, b);
  }

  lemma SelectKeeps(a: Auth, token: nat, fingerprint: nat)
    requires Inv(a)
    ensures Inv(SelectUser(a, token, fingerprint))
  {
    var b := SelectUser(a, token, fingerprint);
    assert PhaseOk(a, b.requests[|a.requests|]);
    SameHistoryKeeps(a, b);
  }

  lemma RememberKeeps(a: Auth, k: nat, stored: bool)
    requires Inv(a)
    ensures Inv(RememberSession(a, k, stored))
  {
    var b := RememberSession(a, k, stored);
    assert b != a ==> PhaseOk(a, a.requests[k]);
    SameHistoryKeeps(a, b);
  }

  lemma PollKeeps(a: Auth, k: nat)
    requires Inv(a)
    ensures Inv(PollCache(a, k))
  {
    var b := PollCache(a, k);
    assert b != a ==> PhaseOk(a, b.requests[k]);
    SameHistoryKeeps(a, b);
  }

  lemma StepKeeps(a: Auth, step: Step)
    requires Inv(a)
    ensures Inv(Apply(a, step))
  {
    match step
    case Swap(k) => SwapKeeps(a, k);
    case Revoke(k) => RevokeKeeps(a, k);
    case Select(t, fp) => SelectKeeps(a, t, fp);
    case Remember(k, stored) => RememberKeeps(a, k, stored);
    case Poll(k) => PollKeeps(a, k);
    case Login(u, fp) =>
      LoginReissues(a, u, fp);
      ReissueKeeps(a, Apply(a, step));
    case LogoutToken(t) =>
      LogoutTokenReissues(a, t);
      ReissueKeeps(a, Apply(a, step));
    case _ =>
      UserStepReissues(a, step);
      ReissueKeeps(a, Apply(a, step));
  }

  lemma {:induction false} RunKeeps(a: Auth, steps: seq<Step>)
    requires Inv(a)
    ensures Inv(Run(a, steps))
    decreases |steps|
  {
    if |steps| > 0 {
      RunKeeps(a, steps[..|steps| - 1]);
      StepKeeps(Run(a, steps[..|steps| - 1]), steps[|steps| - 1]);
    }
  }

  lemma ReachableInv(a: Auth)
    requires Reachable(a)
    ensures Inv(a)
  {
    var steps :| Run(EMPTY, steps) == a;
    RunKeeps(EMPTY, steps);
  }

  lemma StepIsReachable(a: Auth, step: Step)
    ensures Reachable(a) ==> Reachable(Apply(a, step))
  {
    if Reachable(a) {
      var steps :| Run(EMPTY, steps) == a;
      assert (steps + [step])[..|steps|] == steps;
      assert Run(EMPTY, steps + [step]) == Apply(a, step);
    }
  }

  // ---------- what the protocol is for ----------

  /** However requests interleave, each token is rotated at most once. */
  lemma RotatedAtMostOnce(a: Auth, i: nat, j: nat)
    requires Reachable(a) && i < |a.wins| && j < |a.wins| && a.wins[i].0 == a.wins[j].0
    ensures i == j
  {
    ReachableInv(a);
  }

  /** Any two successful refreshes that presented the same old token got the same new session, and
      came from the same device. */
  lemma SameTokenSameSession(a: Auth, j: nat, k: nat)
    requires Reachable(a) && j < |a.requests| && k < |a.requests|
    requires a.requests[j].Succeeded? && a.requests[k].Succeeded? && a.requests[j].token == a.requests[k].token
    ensures a.requests[j] == a.requests[k]
  {
    ReachableInv(a);
    assert PhaseOk(a, a.requests[j]) && PhaseOk(a, a.requests[k]);
  }

  /** Different old tokens never lead to one and the same new token. */
  lemma SameSessionSameToken(a: Auth, j: nat, k: nat)
    requires Reachable(a) && j < |a.requests| && k < |a.requests|
    requires a.requests[j].Succeeded? && a.requests[k].Succeeded?
    requires a.requests[j].session.refresh == a.requests[k].session.refresh
    ensures a.requests[j] == a.requests[k]
  {
    ReachableInv(a);
    assert PhaseOk(a, a.requests[j]) && PhaseOk(a, a.requests[k]);
  }

  /** A live token belongs to one user only. */
  lemma OneOwner(a: Auth, u: nat, v: nat, token: nat)
    requires Reachable(a) && u < |a.users| && v < |a.users| && Holds(a.users[u], token) && Holds(a.users[v], token)
    ensures u == v
  {
    ReachableInv(a);
  }

  predicate Alive(a: Auth, token: nat) {
    exists u :: 0 <= u < |a.users| && Holds(a.users[u], token)
  }

  lemma StepRetires(a: Auth, step: Step, token: nat)
    requires Inv(a) && token < a.next && !Alive(a, token)
    ensures token < Apply(a, step).next && !Alive(Apply(a, step), token)
  {
    var b := Apply(a, step);
    forall u | 0 <= u < |b.users| ensures !Holds(b.users[u], token) {
      if u < |a.users| {
        assert !Holds(a.users[u], token);
      }
    }
  }

  /** A token that was issued and is no longer live, because it was rotated, replaced by a login,
      logged out or revoked, never becomes live again. */
  lemma {:induction false} RetiredForGood(a: Auth, steps: seq<Step>, token: nat)
    requires Reachable(a) && token < a.next && !Alive(a, token)
    ensures token < Run(a, steps).next && !Alive(Run(a, steps), token)
    decreases |steps|
  {
    if |steps| > 0 {
      ReachableInv(a);
      RetiredForGood(a, steps[..|steps| - 1], token);
      RunKeeps(a, steps[..|steps| - 1]);
      StepRetires(Run(a, steps[..|steps| - 1]), steps[|steps| - 1], token);
    }
  }

  /** A rotated token is no longer live; so after a swap only the new token, or one issued later, is. */
  lemma RotatedIsRetired(a: Auth, i: nat, steps: seq<Step>)
    requires Reachable(a) && i < |a.wins|
    ensures !Alive(Run(a, steps), a.wins[i].0)
  {
    ReachableInv(a);
    RetiredForGood(a, steps, a.wins[i].0);
  }

  /** Request `k` has been turned away from session `s`: it is about to revoke the session, or it has
      failed and the session is dead. */
  predicate TurnedAway(a: Auth, k: nat, s: Session) {
    k < |a.requests| && (a.requests[k] == Revoking(s.user) || (a.requests[k] == Failed && !Alive(a, s.refresh)))
  }

  /** Revoking the user of a rotation kills the session it made. */
  lemma RevokeKills(a: Auth, k: nat, token: nat, s: Session)
    requires Inv(a) && Won(a, token, s) && k < |a.requests| && a.requests[k] == Revoking(s.user)
    ensures RevokeUser(a, k).requests[k] == Failed && !Alive(RevokeUser(a, k), s.refresh)
  {
    var b := RevokeUser(a, k);
    forall u | 0 <= u < |b.users| ensures !Holds(b.users[u], s.refresh) {
      if u != s.user {
        assert b.users[u] == a.users[u];
      }
    }
  }

  lemma OtherRequestsStay(a: Auth, step: Step, k: nat)
    requires k < |a.requests| && (a.requests[k].Failed? || (a.requests[k].Revoking? && step != Revoke(k)))
    ensures k < |Apply(a, step).requests| && Apply(a, step).requests[k] == a.requests[k]
  {
  }

  lemma StepTurnsAway(a: Auth, step: Step, k: nat, token: nat, s: Session)
    requires Inv(a) && Won(a, token, s) && TurnedAway(a, k, s)
    ensures TurnedAway(Apply(a, step), k, s) && Won(Apply(a, step), token, s)
  {
    StepKeepsWin(a, step, token, s);
    if step == Revoke(k) && a.requests[k].Revoking? {
      RevokeKills(a, k, token, s);
    } else {
      OtherRequestsStay(a, step, k);
      if a.requests[k].Failed? {
        StepRetires(a, step, s.refresh);
      }
    }
  }

  lemma StepKeepsWin(a: Auth, step: Step, token: nat, s: Session)
    requires Won(a, token, s)
    ensures Won(Apply(a, step), token, s)
  {
    var i :| 0 <= i < |a.wins| && a.wins[i] == (token, s);
    assert Apply(a, step).wins[i] == (token, s);
  }

  lemma {:induction false} RunTurnsAway(a: Auth, steps: seq<Step>, k: nat, token: nat, s: Session)
    requires Inv(a) && Won(a, token, s) && TurnedAway(a, k, s)
    ensures TurnedAway(Run(a, steps), k, s) && Won(Run(a, steps), token, s)
    decreases |steps|
  {
    if |steps| > 0 {
      RunTurnsAway(a, steps[..|steps| - 1], k, token, s);
      RunKeeps(a, steps[..|steps| - 1]);
      StepTurnsAway(Run(a, steps[..|steps| - 1]), steps[|steps| - 1], k, token, s);
    }
  }

  /** A refresh that finds in the cache the session of another device never succeeds, whatever happens
      between that look and the revocation; and once it has failed, the session it tried to join is dead
      for good. */
  lemma OtherDeviceRevokes(a: Auth, k: nat, steps: seq<Step>)
    requires Reachable(a) && k < |a.requests| && a.requests[k].Polling? && Cached(a, a.requests[k].token)
    requires a.cache[a.requests[k].token].session.fingerprint != a.requests[k].fingerprint
    ensures TurnedAway(Run(PollCache(a, k), steps), k, a.cache[a.requests[k].token].session)
  {
    ReachableInv(a);
    PollKeeps(a, k);
    var token := a.requests[k].token;
    StepKeepsWin(a, Poll(k), token, a.cache[token].session);
    RunTurnsAway(PollCache(a, k), steps, k, token, a.cache[token].session);
  }

  // ---------- the handlers, in place ----------

  class AuthServer {
    var now: int
    var users: seq<User>
    var cache: map<nat, Entry>
    var requests: seq<Phase>
    var next: nat
    ghost var wins: seq<(nat, Session)>

    ghost function View(): Auth
      reads this
    {
      Auth(now, users, cache, requests, next, wins)
    }

    ghost predicate Valid()
      reads this
    {
      Inv(View())
    }

    constructor ()
      ensures View() == EMPTY && Valid()
    {
      now, next := 0, 0;
      users, requests, wins := [], [], [];
      cache := map[];
    }

    /** The UPDATE of `createAuthenticatedSession`. */
    method CreateAuthenticatedSession(u: nat, fingerprint: nat)
      modifies this
      ensures View() == Apply(old(View()), Login(u, fingerprint))
    {
      if u < |users| {
        users := users[u := users[u].(token := Some(next), expiry := now + LIFETIME, device := fingerprint)];
        next := next + 2;
      }
    }

    /** `logout` of an authenticated user. */
    method LogoutUser(u: nat)
      modifies this
      ensures View() == Apply(old(View()), Logout(u))
    {
      if u < |users| {
        users := users[u := users[u].(token := None, expiry := 0, device := 0, version := users[u].version + 1)];
      }
    }

    /** `logout` with nothing but the cookie. */
    method LogoutCookie(token: nat)
      modifies this
      ensures View() == Apply(old(View()), LogoutToken(token))
    {
      ghost var before := users;
      var u := 0;
      while u < |users|
        invariant 0 <= u <= |users| == |before|
        invariant forall v :: 0 <= v < u ==> users[v] == LogoutAll(before, token)[v]
        invariant forall v :: u <= v < |users| ==> users[v] == before[v]
        invariant now == old(now) && cache == old(cache) && requests == old(requests) && next == old(next) &&
                  wins == old(wins)
      {
        if Holds(users[u], token) {
          users := users[u := Clear(users[u]).(version := users[u].version + 1)];
        }
        u := u + 1;
      }
      assert users == LogoutAll(before, token);
    }

    method SelectByToken(token: nat, fingerprint: nat)
      modifies this
      ensures View() == Apply(old(View()), Select(token, fingerprint))
    {
      var owner := Owner(users, token);
      if owner.None? {
        requests := requests + [Polling(token, fingerprint, ATTEMPTS)];
      } else if users[owner.value].expiry < now {
        requests := requests + [Failed];
      } else {
        requests := requests + [Found(token, fingerprint, owner.value)];
      }
    }

    method CompareAndSwap(k: nat)
      modifies this
      ensures View() == Apply(old(View()), Swap(k))
    {
      if k >= |requests| || !requests[k].Found? {
        return;
      }
      var r := requests[k];
      if r.user < |users| && Holds(users[r.user], r.token) {
        var session := Session(next, next + 1, r.fingerprint, r.user);
        users := users[r.user := users[r.user].(token := Some(next), expiry := now + LIFETIME,
                                                device := r.fingerprint)];
        next := next + 2;
        requests := requests[k := Rotated(r.token, session)];
        wins := wins + [(r.token, session)];
      } else {
        requests := requests[k := Polling(r.token, r.fingerprint, ATTEMPTS)];
      }
    }

    method RememberRotatedRefreshToken(k: nat, stored: bool)
      modifies this
      ensures View() == Apply(old(View()), Remember(k, stored))
    {
      if k < |requests| && requests[k].Rotated? {
        var r := requests[k];
        if stored {
          cache := cache[r.token := Entry(r.session, now + GRACE)];
        }
        requests := requests[k := Succeeded(r.token, r.session.fingerprint, r.session)];
      }
    }

    method LookIntoCache(k: nat)
      modifies this
      ensures View() == Apply(old(View()), Poll(k))
    {
      if k >= |requests| || !requests[k].Polling? {
        return;
      }
      var r := requests[k];
      if r.token in cache && now < cache[r.token].until {
        var session := cache[r.token].session;
        if session.fingerprint == r.fingerprint {
          requests := requests[k := Succeeded(r.token, r.fingerprint, session)];
        } else {
          requests := requests[k := Revoking(session.user)];
        }
      } else if r.attempts > 1 {
        requests := requests[k := Polling(r.token, r.fingerprint, r.attempts - 1)];
      } else {
        requests := requests[k := Failed];
      }
    }

    method RevokeSession(k: nat)
      modifies this
      ensures View() == Apply(old(View()), Revoke(k))
    {
      if k < |requests| && requests[k].Revoking? {
        var u := requests[k].user;
        if u < |users| {
          users := users[u := users[u].(token := None, expiry := 0, device := 0)];
        }
        requests := requests[k := Failed];
      }
    }

    method ServeUser(step: Step)
      requires MovesUsers(step)
      modifies this
      ensures View() == Apply(old(View()), step)
    {
      match step
      case Tick(elapsed) => now := now + elapsed;
      case Register => users := users + [User(None, 0, 0, 0)];
      case Login(u, fingerprint) => CreateAuthenticatedSession(u, fingerprint);
      case Logout(u) => LogoutUser(u);
      case LogoutToken(token) => LogoutCookie(token);
      case Evict(token) => cache := cache - {token};
    }

    method ServeRefresh(step: Step)
      requires !MovesUsers(step)
      modifies this
      ensures View() == Apply(old(View()), step)
    {
      match step
      case Select(token, fingerprint) => SelectByToken(token, fingerprint);
      case Swap(k) => CompareAndSwap(k);
      case Remember(k, stored) => RememberRotatedRefreshToken(k, stored);
      case Poll(k) => LookIntoCache(k);
      case Revoke(k) => RevokeSession(k);
    }

    /** Whatever is asked of the server, in any order, is a step of the machine; so its laws hold here. */
    method Serve(step: Step)
      requires Valid()
      modifies this
      ensures Valid() && View() == Apply(old(View()), step)
      ensures Reachable(old(View())) ==> Reachable(View())
    {
      ghost var before := View();
      if MovesUsers(step) {
        ServeUser(step);
      } else {
        ServeRefresh(step);
      }
      StepKeeps(before, step);
      StepIsReachable(before, step);
    }
  }
}
