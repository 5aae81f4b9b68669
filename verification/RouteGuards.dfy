/** The two route guards of the frontend (onboarding.ts). */
module RouteGuards {
  import opened Model

  datatype Role = RoleUser | RoleVolunteer | RoleNgo | RoleProvider | RoleAdmin

  datatype Verification = Approved | Pending | Rejected | Unregistered

  /** Who is signed in; nobody at all behaves like a user without a role. `hasProfile` says that
      name, email and phone are all filled in. */
  datatype User = User(role: Option<Role>, hasProfile: bool, isVerified: bool, status: Option<Verification>)

  const PENDING_VERIFICATION := "/pending-verification"
  const COMPLETE_PROFILE := "/complete-profile"
  const SELECT_ROLE := "/select-role"
  const RESTAURANT_REGISTER := "/restaurant/register"
  const NGO_REGISTER := "/ngo/register"

  predicate StartsWith(path: string, prefix: string) {
    prefix <= path
  }

  predicate Under(path: string, route: string) {
    path == route || StartsWith(path, route + "/")
  }

  predicate IsOnboardingRoute(path: string) {
    Under(path, SELECT_ROLE) || Under(path, COMPLETE_PROFILE) || Under(path, RESTAURANT_REGISTER) ||
    Under(path, NGO_REGISTER) || Under(path, PENDING_VERIFICATION)
  }

  function RoleDashboard(role: Option<Role>): string {
    match role
    case Some(RoleAdmin) => "/admin"
    case Some(RoleNgo) => "/ngo"
    case Some(RoleVolunteer) => "/volunteer/dashboard"
    case _ => "/dashboard"
  }

  function RoleRegistrationRoute(role: Option<Role>): string {
    match role
    case Some(RoleProvider) => RESTAURANT_REGISTER
    case Some(RoleNgo) => NGO_REGISTER
    case _ => COMPLETE_PROFILE
  }

  predicate IsVerificationRole(role: Option<Role>) {
    role == Some(RoleProvider) || role == Some(RoleNgo)
  }

  function VerificationStatus(u: User): Verification {
    if !IsVerificationRole(u.role) then Approved
    else if u.status.Some? then u.status.value
    else if u.isVerified then Approved
    else Unregistered
  }

  predicate Cleared(u: User) {
    VerificationStatus(u) == Approved || u.isVerified
  }

  predicate LacksProfile(u: User) {
    u.role.None? || (u.role != Some(RoleAdmin) && !u.hasProfile)
  }

  /** `getPostAuthRedirect`. */
  function PostAuth(u: User): string {
    if LacksProfile(u) then COMPLETE_PROFILE
    else if !IsVerificationRole(u.role) || Cleared(u) then RoleDashboard(u.role)
    else if VerificationStatus(u) == Verification.Rejected || VerificationStatus(u) == Unregistered then
      RoleRegistrationRoute(u.role)
    else PENDING_VERIFICATION
  }

  predicate IsUserOnboarded(u: User) {
    u.role.Some? && PostAuth(u) == RoleDashboard(u.role)
  }

  /** `getOnboardingRedirect`. */
  function OnboardingRedirect(u: User, path: string): Option<string> {
    var target := PostAuth(u);
    if path == target then None
    else if path == PENDING_VERIFICATION && IsVerificationRole(u.role) then None
    else if IsOnboardingRoute(path) then Some(target)
    else if target == RoleDashboard(u.role) then None
    else Some(target)
  }

  /** The part of `getRouteAccessRedirect` for the pages of one verified role. */
  function RoleRedirect(u: User, inArea: bool, inRegister: bool, register: string): Option<string> {
    if inArea && !Cleared(u) then
      Some(if VerificationStatus(u) == Verification.Rejected || VerificationStatus(u) == Unregistered then register
           else PENDING_VERIFICATION)
    else if inRegister && Cleared(u) then Some(RoleDashboard(u.role))
    else if inRegister && VerificationStatus(u) == Pending then Some(PENDING_VERIFICATION)
    else None
  }

  /** `getRouteAccessRedirect`. */
  function RouteAccessRedirect(u: User, path: string): Option<string> {
    if u.role.None? then
      if path == SELECT_ROLE || path == COMPLETE_PROFILE then None else Some(COMPLETE_PROFILE)
    else if u.role != Some(RoleAdmin) && !u.hasProfile then
      if path == COMPLETE_PROFILE then None else Some(COMPLETE_PROFILE)
    else if Under(path, SELECT_ROLE) then Some(PostAuth(u))
    else if StartsWith(path, PENDING_VERIFICATION) then
      if !IsVerificationRole(u.role) then Some(PostAuth(u))
      else if Cleared(u) then Some(RoleDashboard(u.role))
      else None
    else if StartsWith(path, "/admin") && u.role != Some(RoleAdmin) then Some(PostAuth(u))
    else if ((StartsWith(path, "/provider") && !StartsWith(path, "/provider/register")) ||
             StartsWith(path, RESTAURANT_REGISTER)) &&
            u.role != Some(RoleProvider)
    then Some(PostAuth(u))
    else
      var asProvider := if u.role == Some(RoleProvider)
                        then RoleRedirect(u, StartsWith(path, "/provider"), StartsWith(path, RESTAURANT_REGISTER),
                                          RESTAURANT_REGISTER)
                        else None;
      if asProvider.Some? then asProvider
      else if StartsWith(path, "/volunteer") && u.role != Some(RoleVolunteer) then Some(PostAuth(u))
      else if (StartsWith(path, "/reservations") || StartsWith(path, "/payment-success") ||
               StartsWith(path, "/payment-failed")) &&
              u.role != Some(RoleUser)
      then Some(PostAuth(u))
      else if StartsWith(path, "/ngo") && u.role != Some(RoleNgo) then Some(PostAuth(u))
      else if u.role == Some(RoleNgo) then
        RoleRedirect(u, StartsWith(path, "/ngo") && !StartsWith(path, NGO_REGISTER), StartsWith(path, NGO_REGISTER),
                     NGO_REGISTER)
      else None
  }

  // ---------- no chain of redirects ----------

  /** Wherever a guard sends a user, it is where signing in would have sent them. */
  lemma GuardsAgree(u: User, path: string)
    ensures OnboardingRedirect(u, path).Some? ==> OnboardingRedirect(u, path).value == PostAuth(u)
    ensures RouteAccessRedirect(u, path).Some? ==> RouteAccessRedirect(u, path).value == PostAuth(u)
  {
  }

  /** The areas of the site begin with different letters, but for two pairs. */
  lemma AreaLetters(path: string)
    requires |path| > 1
    ensures StartsWith(path, "/admin") ==> path[1] == 'a'
    ensures StartsWith(path, "/ngo") || StartsWith(path, NGO_REGISTER) ==> path[1] == 'n'
    ensures StartsWith(path, "/volunteer") ==> path[1] == 'v'
    ensures StartsWith(path, "/reservations") || StartsWith(path, RESTAURANT_REGISTER) ==> path[1] == 'r'
    ensures StartsWith(path, "/provider") || StartsWith(path, PENDING_VERIFICATION) ==> path[1] == 'p'
    ensures StartsWith(path, "/payment-success") || StartsWith(path, "/payment-failed") ==> path[1] == 'p'
    ensures Under(path, SELECT_ROLE) ==> path[1] == 's'
  {
  }

  lemma RegisterIsNoReservation()
    ensures !StartsWith(RESTAURANT_REGISTER, "/reservations")
  {
    var prefix := "/reservations";
    assert prefix[4] == 'e' && RESTAURANT_REGISTER[4] == 't';
  }

  lemma PlainDashboardRests(u: User)
    requires !IsVerificationRole(u.role) && !LacksProfile(u)
    ensures RouteAccessRedirect(u, RoleDashboard(u.role)) == None
  {
    AreaLetters(RoleDashboard(u.role));
  }

  lemma VerifiedDashboardRests(u: User)
    requires IsVerificationRole(u.role) && Cleared(u) && !LacksProfile(u)
    ensures RouteAccessRedirect(u, RoleDashboard(u.role)) == None
  {
    AreaLetters(RoleDashboard(u.role));
  }

  lemma RegistrationRests(u: User)
    requires IsVerificationRole(u.role) && !LacksProfile(u) && !Cleared(u) && VerificationStatus(u) != Pending
    ensures RouteAccessRedirect(u, RoleRegistrationRoute(u.role)) == None
  {
    AreaLetters(RoleRegistrationRoute(u.role));
    RegisterIsNoReservation();
  }

  lemma PendingRests(u: User)
    requires IsVerificationRole(u.role) && !LacksProfile(u) && !Cleared(u)
    ensures RouteAccessRedirect(u, PENDING_VERIFICATION) == None
  {
    AreaLetters(PENDING_VERIFICATION);
  }

  /** ... and there both leave them alone. */
  lemma TargetRests(u: User)
    ensures OnboardingRedirect(u, PostAuth(u)) == None && RouteAccessRedirect(u, PostAuth(u)) == None
  {
    if !LacksProfile(u) {
      if !IsVerificationRole(u.role) {
        PlainDashboardRests(u);
      } else if Cleared(u) {
        VerifiedDashboardRests(u);
      } else if VerificationStatus(u) != Pending {
        RegistrationRests(u);
      } else {
        PendingRests(u);
      }
    }
  }

  // ---------- who may be where ----------

  /** Where signing in leads, from what is on record about the user. */
  lemma SignInLeads(u: User)
    ensures PostAuth(u) == COMPLETE_PROFILE <==> u.role.None? || (u.role != Some(RoleAdmin) && !u.hasProfile)
    ensures PostAuth(u) == PENDING_VERIFICATION <==>
              u.role in {Some(RoleProvider), Some(RoleNgo)} && u.hasProfile && !u.isVerified &&
              u.status == Some(Pending)
    ensures PostAuth(u) == RESTAURANT_REGISTER <==>
              u.role == Some(RoleProvider) && u.hasProfile && !u.isVerified &&
              u.status in {None, Some(Verification.Rejected), Some(Unregistered)}
    ensures PostAuth(u) == NGO_REGISTER <==>
              u.role == Some(RoleNgo) && u.hasProfile && !u.isVerified &&
              u.status in {None, Some(Verification.Rejected), Some(Unregistered)}
    ensures PostAuth(u) == "/admin" <==> u.role == Some(RoleAdmin)
    ensures PostAuth(u) == "/volunteer/dashboard" <==> u.role == Some(RoleVolunteer) && u.hasProfile
    ensures PostAuth(u) == "/ngo" <==>
              u.role == Some(RoleNgo) && u.hasProfile && (u.isVerified || u.status == Some(Approved))
    ensures PostAuth(u) == "/dashboard" <==>
              u.hasProfile && (u.role == Some(RoleUser) ||
                               (u.role == Some(RoleProvider) && (u.isVerified || u.status == Some(Approved))))
  {
  }

  /** Someone whose verification has not been decided in their favour. */
  predicate Unverified(u: User) {
    !u.isVerified && u.status != Some(Approved)
  }

  /** Someone who may hand in the papers for a verification: nothing has been, or it was rejected. */
  predicate MayRegister(u: User) {
    Unverified(u) && u.status != Some(Pending)
  }

  /** The area of each role. */
  predicate OwnArea(u: User, path: string) {
    (StartsWith(path, "/admin") ==> u.role == Some(RoleAdmin)) &&
    (StartsWith(path, "/volunteer") ==> u.role == Some(RoleVolunteer)) &&
    (StartsWith(path, "/reservations") || StartsWith(path, "/payment-success") ||
     StartsWith(path, "/payment-failed") ==>
       u.role == Some(RoleUser)) &&
    (StartsWith(path, "/ngo") ==> u.role == Some(RoleNgo)) &&
    (StartsWith(path, RESTAURANT_REGISTER) ==> u.role == Some(RoleProvider)) &&
    (StartsWith(path, "/provider") && !StartsWith(path, "/provider/register") ==> u.role == Some(RoleProvider))
  }

  /** Within it, the registration pages are for those who may register, and the rest for the verified. */
  predicate OwnPages(u: User, path: string) {
    (StartsWith(path, PENDING_VERIFICATION) ==> u.role in {Some(RoleProvider), Some(RoleNgo)} && Unverified(u)) &&
    (u.role == Some(RoleProvider) && StartsWith(path, "/provider") ==> !Unverified(u)) &&
    (u.role == Some(RoleProvider) && StartsWith(path, RESTAURANT_REGISTER) ==> MayRegister(u)) &&
    (u.role == Some(RoleNgo) && StartsWith(path, "/ngo") && !StartsWith(path, NGO_REGISTER) ==> !Unverified(u)) &&
    (u.role == Some(RoleNgo) && StartsWith(path, NGO_REGISTER) ==> MayRegister(u))
  }

  /** What the access guard is there for: pages are for the role whose area they are in. */
  predicate MayVisit(u: User, path: string) {
    if u.role.None? then path == SELECT_ROLE || path == COMPLETE_PROFILE
    else if u.role != Some(RoleAdmin) && !u.hasProfile then path == COMPLETE_PROFILE
    else path != SELECT_ROLE && !StartsWith(path, SELECT_ROLE + "/") && OwnArea(u, path) && OwnPages(u, path)
  }

  /** The areas that begin with the same letter are apart all the same. */
  lemma AreasApart(path: string)
    ensures StartsWith(path, PENDING_VERIFICATION) ==>
              !StartsWith(path, "/provider") && !StartsWith(path, "/payment-success") &&
              !StartsWith(path, "/payment-failed")
    ensures StartsWith(path, RESTAURANT_REGISTER) ==> !StartsWith(path, "/reservations")
  {
    var pending, provider, success, failed := PENDING_VERIFICATION, "/provider", "/payment-success", "/payment-failed";
    assert pending[2] == 'e' && provider[2] == 'r' && success[2] == 'a' && failed[2] == 'a';
    var reservations := "/reservations";
    assert RESTAURANT_REGISTER[4] == 't' && reservations[4] == 'e';
  }

  lemma AccessIff(u: User, path: string)
    ensures RouteAccessRedirect(u, path).None? <==> MayVisit(u, path)
  {
    AreasApart(path);
    if |path| > 1 {
      AreaLetters(path);
    }
  }

  const ONBOARDING_PAGES := [SELECT_ROLE, COMPLETE_PROFILE, RESTAURANT_REGISTER, NGO_REGISTER, PENDING_VERIFICATION]

  predicate OnboardingPage(path: string) {
    exists k :: 0 <= k < |ONBOARDING_PAGES| &&
                (path == ONBOARDING_PAGES[k] || StartsWith(path, ONBOARDING_PAGES[k] + "/"))
  }

  lemma OnboardingPageMeans(path: string)
    ensures OnboardingPage(path) <==> IsOnboardingRoute(path)
  {
    if Under(path, SELECT_ROLE) {
      assert path == ONBOARDING_PAGES[0] || StartsWith(path, ONBOARDING_PAGES[0] + "/");
    } else if Under(path, COMPLETE_PROFILE) {
      assert path == ONBOARDING_PAGES[1] || StartsWith(path, ONBOARDING_PAGES[1] + "/");
    } else if Under(path, RESTAURANT_REGISTER) {
      assert path == ONBOARDING_PAGES[2] || StartsWith(path, ONBOARDING_PAGES[2] + "/");
    } else if Under(path, NGO_REGISTER) {
      assert path == ONBOARDING_PAGES[3] || StartsWith(path, ONBOARDING_PAGES[3] + "/");
    } else if Under(path, PENDING_VERIFICATION) {
      assert path == ONBOARDING_PAGES[4] || StartsWith(path, ONBOARDING_PAGES[4] + "/");
    }
  }

  lemma DashboardIsOutside(role: Option<Role>)
    ensures !IsOnboardingRoute(RoleDashboard(role))
  {
    AreaLetters(RoleDashboard(role));
  }

  lemma DashboardsAreOutside(u: User)
    ensures OnboardingPage(PostAuth(u)) <==> !IsUserOnboarded(u)
  {
    OnboardingPageMeans(PostAuth(u));
    DashboardIsOutside(u.role);
  }

  /** What the onboarding guard is there for: those who are sent to an onboarding page stay there, or on
      the pending page, and the others keep out of all of them. */
  lemma OnboardingIff(u: User, path: string)
    ensures OnboardingRedirect(u, path).None? <==>
              path == PostAuth(u) ||
              (path == PENDING_VERIFICATION && u.role in {Some(RoleProvider), Some(RoleNgo)}) ||
              (!OnboardingPage(PostAuth(u)) && !OnboardingPage(path))
  {
    OnboardingPageMeans(path);
    DashboardsAreOutside(u);
  }

  datatype Guard = Onboarding | RouteAccess

  function Redirect(g: Guard, u: User, path: string): Option<string> {
    match g
    case Onboarding => OnboardingRedirect(u, path)
    case RouteAccess => RouteAccessRedirect(u, path)
  }

  /** The pages a user visits when the guards act in any order. */
  function Walk(u: User, path: string, guards: seq<Guard>): (string, nat)
    decreases |guards|
  {
    if |guards| == 0 then (path, 0)
    else
      var (at, hops) := Walk(u, path, guards[..|guards| - 1]);
      var next := Redirect(guards[|guards| - 1], u, at);
      if next.Some? then (next.value, hops + 1) else (at, hops)
  }

  /** Whatever the guards do, and however often, a user is redirected at most once. */
  lemma {:induction false} NoPingPong(u: User, path: string, guards: seq<Guard>)
    ensures Walk(u, path, guards).1 <= 1
    ensures Walk(u, path, guards).0 == if Walk(u, path, guards).1 == 0 then path else PostAuth(u)
    decreases |guards|
  {
    if |guards| > 0 {
      NoPingPong(u, path, guards[..|guards| - 1]);
      GuardsAgree(u, Walk(u, path, guards[..|guards| - 1]).0);
      TargetRests(u);
    }
  }

  /** Where a user who has not finished onboarding can stay: on the page they are sent to, or on the
      pending page while their verification is open. */
  lemma RestingPlaces(u: User, path: string)
    requires !IsUserOnboarded(u)
    ensures OnboardingRedirect(u, path).None? && RouteAccessRedirect(u, path).None? <==>
              path == PostAuth(u) || (path == PENDING_VERIFICATION && IsVerificationRole(u.role) && !LacksProfile(u))
  {
    TargetRests(u);
    if IsVerificationRole(u.role) && !LacksProfile(u) {
      PendingRests(u);
    }
  }
}
